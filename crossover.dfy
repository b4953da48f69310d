/**
 * Crossover detection between two aligned lines (`find_intersections`):
 * compare the lines row by row with `>` and report, for every pair of
 * consecutive rows, whether the comparison changed.
 */
module Crossover {

  import opened Series

  /**
   * The table's `a > b` on one row: false when the values are equal and
   * false when either cell is missing, since a comparison with NaN is false.
   */
  predicate Above(a: Option<real>, b: Option<real>)
  {
    a.Some? && b.Some? && a.value > b.value
  }

  /** Row-by-row `line1 > line2`. */
  function Comparison(line1: Column, line2: Column): (gt: seq<bool>)
    requires |line1| == |line2|
    ensures |gt| == |line1|
    ensures forall i :: 0 <= i < |line1| ==> (gt[i] <==> Above(line1[i], line2[i]))
  {
    seq(|line1|, i requires 0 <= i < |line1| => Above(line1[i], line2[i]))
  }

  /** For every pair of consecutive entries, whether they differ. */
  function Flips(gt: seq<bool>): (r: seq<bool>)
    requires |gt| >= 1
    ensures |r| == |gt| - 1
  {
    seq(|gt| - 1, i requires 0 <= i < |gt| - 1 => gt[i] != gt[i + 1])
  }

  /** Number of `true` entries. */
  function CountTrue(b: seq<bool>): (n: nat)
    ensures n <= |b|
  {
    if b == [] then 0 else CountTrue(b[..|b| - 1]) + (if b[|b| - 1] then 1 else 0)
  }

  /**
   * Walks the comparison sequence once, keeping the previous entry, and
   * appends whether each entry differs from the one before it.
   */
  method FindIntersections(line1: Column, line2: Column) returns (intersections: seq<bool>)
    requires |line1| == |line2| >= 1
    ensures |intersections| == |line1| - 1
    ensures forall i :: 0 <= i < |intersections| ==>
              (intersections[i] <==> Above(line1[i], line2[i]) != Above(line1[i + 1], line2[i + 1]))
    ensures intersections == Flips(Comparison(line1, line2))
  {
    intersections := [];
    var gt := Comparison(line1, line2);
    var current := gt[0];
    for j := 1 to |gt|
      invariant |intersections| == j - 1
      invariant current == gt[j - 1]
      invariant forall i :: 0 <= i < j - 1 ==> intersections[i] == (gt[i] != gt[i + 1])
    {
      var next := gt[j];
      intersections := intersections + [current != next];
      current := next;
    }
    forall i | 0 <= i < |intersections|
      ensures intersections[i] <==> Above(line1[i], line2[i]) != Above(line1[i + 1], line2[i + 1])
    {
      assert gt[i] == Above(line1[i], line2[i]) && gt[i + 1] == Above(line1[i + 1], line2[i + 1]);
    }
  }

  /** Counting the last entry separately. */
  lemma CountTrueSnoc(b: seq<bool>, x: bool)
    ensures CountTrue(b + [x]) == CountTrue(b) + (if x then 1 else 0)
  {
  }

  /** The flips of a prefix are a prefix of the flips. */
  lemma FlipsPrefix(gt: seq<bool>)
    requires |gt| >= 2
    ensures Flips(gt) == Flips(gt[..|gt| - 1]) + [gt[|gt| - 2] != gt[|gt| - 1]]
  {
  }

  /**
   * The number of crossings is even exactly when the comparison ends where
   * it started: every crossing toggles which line is above.
   */
  lemma {:induction false} CrossingParity(gt: seq<bool>)
    requires |gt| >= 1
    ensures CountTrue(Flips(gt)) % 2 == 0 <==> gt[0] == gt[|gt| - 1]
    decreases |gt|
  {
    if |gt| > 1 {
      var init := gt[..|gt| - 1];
      CrossingParity(init);
      FlipsPrefix(gt);
      CountTrueSnoc(Flips(init), gt[|gt| - 2] != gt[|gt| - 1]);
    }
  }

  /** A sequence of booleans has no `true` entry exactly when its count is zero. */
  lemma {:induction false} CountTrueZero(b: seq<bool>)
    ensures CountTrue(b) == 0 <==> forall i :: 0 <= i < |b| ==> !b[i]
    decreases |b|
  {
    if b != [] {
      CountTrueZero(b[..|b| - 1]);
      assert forall i :: 0 <= i < |b| - 1 ==> b[..|b| - 1][i] == b[i];
    }
  }

  /** There is no crossing at all exactly when the comparison never changes. */
  lemma {:induction false} NoCrossingIffConstant(gt: seq<bool>)
    requires |gt| >= 1
    ensures CountTrue(Flips(gt)) == 0 <==> forall i :: 0 <= i < |gt| ==> gt[i] == gt[0]
    decreases |gt|
  {
    CountTrueZero(Flips(gt));
    if |gt| > 1 {
      var init := gt[..|gt| - 1];
      NoCrossingIffConstant(init);
      FlipsPrefix(gt);
      CountTrueSnoc(Flips(init), gt[|gt| - 2] != gt[|gt| - 1]);
      assert forall i :: 0 <= i < |init| ==> init[i] == gt[i];
    }
  }

  /**
   * Equal values do not count as above: lines 5, 6, 7 and 6, 6, 6 compare
   * as false, false, true, so the only crossing is between the last two rows.
   */
  lemma EqualIsNotAbove()
    ensures Flips(Comparison([Some(5.0), Some(6.0), Some(7.0)], [Some(6.0), Some(6.0), Some(6.0)]))
         == [false, true]
  {
  }

  /**
   * A missing cell compares as "not above", so a row after a gap where the
   * first line is above reports a crossing although no crossing was observed.
   */
  lemma GapThenAboveIsCrossing(line1: Column, line2: Column, i: nat)
    requires |line1| == |line2| && i + 1 < |line1|
    requires line1[i] == None
    requires Above(line1[i + 1], line2[i + 1])
    ensures Flips(Comparison(line1, line2))[i]
  {
  }
}
