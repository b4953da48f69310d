/**
 * Columns of an OHLC table and the column-level operations the Ichimoku
 * indicator is built from: the rolling maximum and minimum over a trailing
 * window, the elementwise half-sum, the midpoint line and the shift.
 *
 * A cell is `None` where the table holds a missing value (NaN) and
 * `Some(x)` otherwise. Prices are exact reals.
 */
module Series {

  datatype Option<+T> = None | Some(value: T)

  /** One column of the table, one cell per row. */
  type Column = seq<Option<real>>

  /** The window of width `w` that ends at row `i` lies inside `s` and has no missing cell. */
  ghost predicate FullWindow(s: Column, i: int, w: nat)
  {
    1 <= w && w - 1 <= i < |s| &&
    forall k :: i - w + 1 <= k <= i ==> s[k].Some?
  }

  /** `m` is the largest value of the full window of width `w` ending at row `i`. */
  ghost predicate IsWindowMax(m: real, s: Column, i: int, w: nat)
  {
    FullWindow(s, i, w) &&
    (forall k :: i - w + 1 <= k <= i ==> s[k].value <= m) &&
    exists k :: i - w + 1 <= k <= i && s[k] == Some(m)
  }

  /** `m` is the smallest value of the full window of width `w` ending at row `i`. */
  ghost predicate IsWindowMin(m: real, s: Column, i: int, w: nat)
  {
    FullWindow(s, i, w) &&
    (forall k :: i - w + 1 <= k <= i ==> m <= s[k].value) &&
    exists k :: i - w + 1 <= k <= i && s[k] == Some(m)
  }

  /** Largest cell of `s[lo..hi]`, missing as soon as one cell of the range is. */
  function MaxOver(s: Column, lo: nat, hi: nat): (r: Option<real>)
    requires lo < hi <= |s|
    ensures r.Some? <==> forall k :: lo <= k < hi ==> s[k].Some?
    ensures r.Some? ==> (forall k :: lo <= k < hi ==> s[k].value <= r.value)
    ensures r.Some? ==> exists k :: lo <= k < hi && s[k] == r
    decreases hi - lo
  {
    if lo + 1 == hi then s[lo]
    else
      match (MaxOver(s, lo, hi - 1), s[hi - 1])
      case (Some(a), Some(b)) => Some(if a < b then b else a)
      case _ => None
  }

  /** Smallest cell of `s[lo..hi]`, missing as soon as one cell of the range is. */
  function MinOver(s: Column, lo: nat, hi: nat): (r: Option<real>)
    requires lo < hi <= |s|
    ensures r.Some? <==> forall k :: lo <= k < hi ==> s[k].Some?
    ensures r.Some? ==> (forall k :: lo <= k < hi ==> r.value <= s[k].value)
    ensures r.Some? ==> exists k :: lo <= k < hi && s[k] == r
    decreases hi - lo
  {
    if lo + 1 == hi then s[lo]
    else
      match (MinOver(s, lo, hi - 1), s[hi - 1])
      case (Some(a), Some(b)) => Some(if b < a then b else a)
      case _ => None
  }

  /**
   * `s.rolling(window=w).max()` with the default `min_periods = w`: a row
   * has a value only when the whole window ending there exists and has no
   * missing cell, so the first `w - 1` rows are always missing.
   */
  function RollingMax(s: Column, w: nat): (r: Column)
    requires w >= 1
    ensures |r| == |s|
    ensures forall i :: 0 <= i < |s| ==> (r[i].Some? <==> FullWindow(s, i, w))
    ensures forall i :: 0 <= i < |s| && r[i].Some? ==> IsWindowMax(r[i].value, s, i, w)
  {
    seq(|s|, i requires 0 <= i < |s| => WindowMaxAt(s, i, w))
  }

  /** One row of `RollingMax`. */
  function WindowMaxAt(s: Column, i: nat, w: nat): (r: Option<real>)
    requires 1 <= w && i < |s|
    ensures r.Some? <==> FullWindow(s, i, w)
    ensures r.Some? ==> IsWindowMax(r.value, s, i, w)
  {
    if i < w - 1 then None else MaxOver(s, i - w + 1, i + 1)
  }

  /** `s.rolling(window=w).min()`, with the same missing-value rule as `RollingMax`. */
  function RollingMin(s: Column, w: nat): (r: Column)
    requires w >= 1
    ensures |r| == |s|
    ensures forall i :: 0 <= i < |s| ==> (r[i].Some? <==> FullWindow(s, i, w))
    ensures forall i :: 0 <= i < |s| && r[i].Some? ==> IsWindowMin(r[i].value, s, i, w)
  {
    seq(|s|, i requires 0 <= i < |s| => WindowMinAt(s, i, w))
  }

  /** One row of `RollingMin`. */
  function WindowMinAt(s: Column, i: nat, w: nat): (r: Option<real>)
    requires 1 <= w && i < |s|
    ensures r.Some? <==> FullWindow(s, i, w)
    ensures r.Some? ==> IsWindowMin(r.value, s, i, w)
  {
    if i < w - 1 then None else MinOver(s, i - w + 1, i + 1)
  }

  /** Elementwise `(a + b) / 2`; a missing operand gives a missing cell. */
  function HalfSum(a: Column, b: Column): (r: Column)
    requires |a| == |b|
    ensures |r| == |a|
    ensures forall i :: 0 <= i < |a| ==> (r[i].Some? <==> a[i].Some? && b[i].Some?)
    ensures forall i :: 0 <= i < |a| && r[i].Some? ==>
              r[i].value - a[i].value == b[i].value - r[i].value
  {
    seq(|a|, i requires 0 <= i < |a| =>
      if a[i].Some? && b[i].Some? then Some((a[i].value + b[i].value) / 2.0) else None)
  }

  /**
   * The midpoint line of period `w`: half the sum of the rolling maximum of
   * the highs and the rolling minimum of the lows.
   */
  function MidLine(high: Column, low: Column, w: nat): (r: Column)
    requires w >= 1 && |high| == |low|
    ensures |r| == |high|
    ensures forall i :: 0 <= i < |high| ==>
              (r[i].Some? <==> FullWindow(high, i, w) && FullWindow(low, i, w))
  {
    HalfSum(RollingMax(high, w), RollingMin(low, w))
  }

  /** A window has at most one maximum. */
  lemma WindowMaxUnique(m1: real, m2: real, s: Column, i: int, w: nat)
    requires IsWindowMax(m1, s, i, w) && IsWindowMax(m2, s, i, w)
    ensures m1 == m2
  {
  }

  /** A window has at most one minimum. */
  lemma WindowMinUnique(m1: real, m2: real, s: Column, i: int, w: nat)
    requires IsWindowMin(m1, s, i, w) && IsWindowMin(m2, s, i, w)
    ensures m1 == m2
  {
  }

  /**
   * Where the high window has maximum `hi` and the low window minimum `lo`,
   * the midpoint line holds `(hi + lo) / 2`.
   */
  lemma MidLineValue(high: Column, low: Column, w: nat, i: nat, hi: real, lo: real)
    requires w >= 1 && |high| == |low| && i < |high|
    requires IsWindowMax(hi, high, i, w) && IsWindowMin(lo, low, i, w)
    ensures MidLine(high, low, w)[i] == Some((hi + lo) / 2.0)
  {
  }

  /** Rows before the first full window of the midpoint line are missing. */
  lemma MidLineWarmUp(high: Column, low: Column, w: nat, i: nat)
    requires w >= 1 && |high| == |low| && i < |high| && i < w - 1
    ensures MidLine(high, low, w)[i] == None
  {
  }

  /**
   * `s.shift(k)`: the cell at row `i` is the one `k` rows earlier (later
   * when `k` is negative); rows with no source row are missing. The
   * length never changes.
   */
  function Shift(s: Column, k: int): (r: Column)
    ensures |r| == |s|
  {
    seq(|s|, i requires 0 <= i < |s| => if 0 <= i - k < |s| then s[i - k] else None)
  }

  /** A forward shift by `d` moves every cell `d` rows later and leaves the first `d` rows missing. */
  lemma ShiftForward(s: Column, d: nat, i: nat)
    requires i < |s|
    ensures Shift(s, d)[i] == if i < d then None else s[i - d]
  {
  }

  /** A backward shift by `d` moves every cell `d` rows earlier and leaves the last `d` rows missing. */
  lemma ShiftBackward(s: Column, d: nat, i: nat)
    requires i < |s|
    ensures Shift(s, -(d as int))[i] == if i + d < |s| then s[i + d] else None
  {
  }

  /**
   * Shifting forward and then back by the same amount restores every cell
   * except the last `d`, which the forward shift pushed past the end.
   */
  lemma ShiftRoundTrip(s: Column, d: nat)
    ensures forall i :: 0 <= i < |s| ==>
              Shift(Shift(s, d), -(d as int))[i] == if i + d < |s| then s[i] else None
  {
    forall i | 0 <= i < |s|
      ensures Shift(Shift(s, d), -(d as int))[i] == if i + d < |s| then s[i] else None
    {
      ShiftBackward(Shift(s, d), d, i);
      if i + d < |s| {
        ShiftForward(s, d, i + d);
      }
    }
  }

  /** Two shifts in the same direction add up. */
  lemma ShiftCompose(s: Column, a: int, b: int)
    requires (0 <= a && 0 <= b) || (a <= 0 && b <= 0)
    ensures Shift(Shift(s, a), b) == Shift(s, a + b)
  {
  }

  /**
   * Highs 10, 12, 11, 14, 13 and lows 8, 9, 9, 10, 11 with a window of 3
   * give the midpoint line missing, missing, 10, 11.5, 11.5.
   */
  lemma {:induction false} MidLineExample(high: Column, low: Column)
    requires high == [Some(10.0), Some(12.0), Some(11.0), Some(14.0), Some(13.0)]
    requires low == [Some(8.0), Some(9.0), Some(9.0), Some(10.0), Some(11.0)]
    ensures MidLine(high, low, 3) == [None, None, Some(10.0), Some(11.5), Some(11.5)]
  {
    MidLineWarmUp(high, low, 3, 0);
    MidLineWarmUp(high, low, 3, 1);
    MidLineValue(high, low, 3, 2, 12.0, 8.0);
    MidLineValue(high, low, 3, 3, 14.0, 9.0);
    MidLineValue(high, low, 3, 4, 14.0, 9.0);
  }
}
