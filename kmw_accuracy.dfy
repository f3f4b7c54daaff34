/** Clustering accuracy via the Kuhn-Munkres-Wong assignment: the solver
    matches the clusters of the two clusterings one to one, and accuracy is
    the number of elements in matched cluster pairs over the number of
    elements.

    The costs handed to the solver are the negated counts, oriented like the
    Pair Sets Index costs.  Two reads in the source do not follow that
    orientation: the sum reads costs[chosen[i]][i] instead of
    costs[i][chosen[i]], and the division reads cell (size2, size1) instead
    of (size1, size2).  `AccuracyAsWritten` models them as written;
    the class computes the intended accuracy. */
module KuhnMunkresWongAccuracy {
  import opened ContingencyTables
  import opened Matching
  import opened RealFacts

  // ---------------------------------------------------------------------
  // Cost matrix
  // ---------------------------------------------------------------------

  /** The negated counts in the table's own orientation, size1 x size2. */
  function NegatedCounts(t: ClusterContingencyTable): (m: seq<seq<real>>)
    requires t.Shaped()
    ensures IsMatrix(m, t.size1, t.size2)
    ensures forall i, j :: 0 <= i < t.size1 && 0 <= j < t.size2 ==> m[i][j] == -(t.contingency[i][j] as real)
  {
    seq(t.size1, i requires 0 <= i < t.size1 =>
      seq(t.size2, j requires 0 <= j < t.size2 => -(t.contingency[i][j] as real)))
  }

  /** The cost matrix handed to the solver. */
  function AccuracyCosts(t: ClusterContingencyTable): (m: seq<seq<real>>)
    requires t.Shaped()
    ensures IsMatrix(m, Min(t.size1, t.size2), Max(t.size1, t.size2))
  {
    Oriented(NegatedCounts(t), t.size1, t.size2)
  }

  /** Fills the cost matrix: min(size1, size2) rows, max(size1, size2)
      columns; the negated count of pair (i, j) at [i, j] when size2 >= size1
      and at [j, i] otherwise. */
  method BuildAccuracyCosts(table: ClusterContingencyTable) returns (costs: array2<real>)
    requires table.Shaped()
    ensures costs.Length0 == Min(table.size1, table.size2)
    ensures costs.Length1 == Max(table.size1, table.size2)
    ensures forall i, j :: 0 <= i < table.size1 && 0 <= j < table.size2 ==>
      (if table.size2 >= table.size1 then costs[i, j] else costs[j, i]) == -(table.contingency[i][j] as real)
    ensures Entries(costs) == AccuracyCosts(table)
  {
    var cont := table.contingency;
    var rowlen, collen := table.size1, table.size2;
    if collen >= rowlen {
      costs := new real[rowlen, collen];
      for i := 0 to rowlen
        invariant forall p, q :: 0 <= p < i && 0 <= q < collen ==> costs[p, q] == -(cont[p][q] as real)
      {
        for j := 0 to collen
          invariant forall p, q :: 0 <= p < i && 0 <= q < collen ==> costs[p, q] == -(cont[p][q] as real)
          invariant forall q :: 0 <= q < j ==> costs[i, q] == -(cont[i][q] as real)
        {
          costs[i, j] := -(cont[i][j] as real);
        }
      }
    } else {
      costs := new real[collen, rowlen];
      for i := 0 to rowlen
        invariant forall p, q :: 0 <= p < i && 0 <= q < collen ==> costs[q, p] == -(cont[p][q] as real)
      {
        for j := 0 to collen
          invariant forall p, q :: 0 <= p < i && 0 <= q < collen ==> costs[q, p] == -(cont[p][q] as real)
          invariant forall q :: 0 <= q < j ==> costs[q, i] == -(cont[i][q] as real)
        {
          costs[j, i] := -(cont[i][j] as real);
        }
      }
    }
    FilledIsOriented(costs, NegatedCounts(table), rowlen, collen);
  }

  /** With non-negative counts every cost is at most 0: the negated cost of
      row r of the solver's matrix is at most the size of the cluster that
      row stands for (a cluster of the first clustering when size2 >= size1,
      of the second otherwise). */
  lemma AccuracyCostsBounded(t: ClusterContingencyTable)
    requires t.Consistent()
    ensures var m, bound := AccuracyCosts(t), RowBounds(t);
      |bound| == |m| &&
      forall r, c :: 0 <= r < |m| && 0 <= c < |m[r]| ==> 0.0 <= -m[r][c] <= bound[r] as real
  {
    var m := AccuracyCosts(t);
    forall r, c | 0 <= r < |m| && 0 <= c < |m[r]|
      ensures 0.0 <= -m[r][c] <= RowBounds(t)[r] as real
    {
      if t.size2 >= t.size1 {
        OrientedEntry(NegatedCounts(t), t.size1, t.size2, r, c);
        CellWithinMarginals(t, r, c);
      } else {
        OrientedEntry(NegatedCounts(t), t.size1, t.size2, c, r);
        CellWithinMarginals(t, c, r);
      }
    }
  }

  /** The cluster sizes that bound the rows of the solver's matrix. */
  function RowBounds(t: ClusterContingencyTable): seq<int>
    requires t.Shaped()
  {
    if t.size2 >= t.size1 then t.RowMarginals() else t.ColMarginals()
  }

  // ---------------------------------------------------------------------
  // The intended accuracy
  // ---------------------------------------------------------------------

  /** What the accuracy needs: a consistent table with at least one element
      and a solver answer meeting the solver's contract. */
  predicate AccuracyDefined(t: ClusterContingencyTable, solve: seq<seq<real>> -> seq<int>)
  {
    t.Consistent() && t.Total() != 0 &&
    IsAssignment(solve(AccuracyCosts(t)), Min(t.size1, t.size2), Max(t.size1, t.size2))
  }

  /** The matched elements are at most all elements, for every shape of
      table. */
  lemma MatchedCountAtMostTotal(t: ClusterContingencyTable, solve: seq<seq<real>> -> seq<int>)
    requires AccuracyDefined(t, solve)
    ensures ReadsInside(AccuracyCosts(t), solve(AccuracyCosts(t)))
    ensures 0.0 <= MatchedSum(AccuracyCosts(t), solve(AccuracyCosts(t))) <= t.Total() as real
  {
    var m, chosen := AccuracyCosts(t), solve(AccuracyCosts(t));
    AssignmentReadsInside(m, chosen, Min(t.size1, t.size2), Max(t.size1, t.size2));
    AccuracyCostsBounded(t);
    MatchedSumAtMostRowBounds(m, chosen, RowBounds(t));
    assert RowBounds(t)[..|chosen|] == RowBounds(t);
  }

  /** The number of elements in matched cluster pairs: between none and all
      of them. */
  function CorrectAssociations(t: ClusterContingencyTable, solve: seq<seq<real>> -> seq<int>): (r: real)
    requires AccuracyDefined(t, solve)
    ensures 0.0 <= r <= t.Total() as real
  {
    MatchedCountAtMostTotal(t, solve);
    MatchedSum(AccuracyCosts(t), solve(AccuracyCosts(t)))
  }

  /** Matched elements over all elements, a value in [0, 1]. */
  function IntendedAccuracy(t: ClusterContingencyTable, solve: seq<seq<real>> -> seq<int>): (r: real)
    requires AccuracyDefined(t, solve)
    ensures 0.0 <= r <= 1.0
  {
    MarginalsNonNegative(t);
    DivInUnitInterval(CorrectAssociations(t, solve), t.Total() as real);
    CorrectAssociations(t, solve) / (t.Total() as real)
  }

  class KuhnMunkresWongAccuracy {
    /** Accuracy under the solver's one-to-one cluster matching. */
    var accuracy: real

    ghost predicate Valid()
      reads this
    {
      0.0 <= accuracy <= 1.0
    }

    /** Computes the accuracy of `table`; `solve` stands for the
        Kuhn-Munkres-Wong solver. */
    constructor (table: ClusterContingencyTable, solve: seq<seq<real>> -> seq<int>)
      requires AccuracyDefined(table, solve)
      ensures Valid()
      ensures accuracy == IntendedAccuracy(table, solve)
    {
      var rowlen, collen := table.size1, table.size2;
      // negative, correctly ordered costs
      var costs := BuildAccuracyCosts(table);
      var chosen := solve(Entries(costs));
      AssignmentReadsInside(Entries(costs), chosen, Min(rowlen, collen), Max(rowlen, collen));
      // the costs are negative: add up the negatives
      var correctAssociations := SumChosen(costs, chosen);
      assert correctAssociations == CorrectAssociations(table, solve) by {
        assert Entries(costs) == AccuracyCosts(table);
      }
      assert table.contingency[rowlen][collen] == table.Total();
      ghost var intended := IntendedAccuracy(table, solve);  // in [0, 1]
      accuracy := correctAssociations / (table.contingency[rowlen][collen] as real);
    }

    /** The accuracy, in [0, 1]. */
    method GetAccuracy() returns (r: real)
      requires Valid()
      ensures r == accuracy && 0.0 <= r <= 1.0
    {
      r := accuracy;
    }
  }

  // ---------------------------------------------------------------------
  // The accuracy as the source computes it
  // ---------------------------------------------------------------------

  /** Every read m[chosen[i]][i] is inside the matrix. */
  predicate ReversedReadsInside(m: seq<seq<real>>, chosen: seq<int>)
  {
    forall i :: 0 <= i < |chosen| ==> 0 <= chosen[i] < |m| && i < |m[chosen[i]]|
  }

  /** -m[chosen[0]][0] - m[chosen[1]][1] - ... */
  function ReversedMatchedSum(m: seq<seq<real>>, chosen: seq<int>): (r: real)
    requires ReversedReadsInside(m, chosen)
    ensures NonPositive(m) ==> r >= 0.0
  {
    if chosen == [] then 0.0
    else ReversedMatchedSum(m, chosen[..|chosen| - 1]) - m[chosen[|chosen| - 1]][|chosen| - 1]
  }

  /** For a solver matrix with rows <= cols, the reversed read stays inside
      the matrix for every assignment exactly when the matrix is square. */
  lemma ReversedReadsInsideIffSquare(m: seq<seq<real>>, rows: nat, cols: nat)
    requires IsMatrix(m, rows, cols) && 0 < rows <= cols
    ensures (forall chosen :: IsAssignment(chosen, rows, cols) ==> ReversedReadsInside(m, chosen)) <==> rows == cols
  {
    if rows < cols {
      var w := seq(rows, i requires 0 <= i < rows => cols - 1 - i);
      assert IsAssignment(w, rows, cols);
      assert !ReversedReadsInside(m, w) by {
        assert w[0] == cols - 1 >= rows;
      }
    }
  }

  /** The divisor cell (size2, size1) is inside the table exactly when the
      table is square, and then it is the number of elements. */
  lemma TransposedTotalCell(t: ClusterContingencyTable)
    requires t.Shaped()
    ensures (t.size2 < |t.contingency| && t.size1 < |t.contingency[t.size2]|) <==> t.size1 == t.size2
    ensures t.size1 == t.size2 ==> t.contingency[t.size2][t.size1] == t.Total()
  {
    if t.size2 < |t.contingency| {
      assert |t.contingency[t.size2]| == t.size2 + 1;
    }
  }

  /** Every negated entry of column c lies in [0, bound[c]]. */
  predicate ColumnBounded(m: seq<seq<real>>, bound: seq<int>)
  {
    forall r, c :: 0 <= r < |m| && 0 <= c < |m[r]| && c < |bound| ==> 0.0 <= -m[r][c] <= bound[c] as real
  }

  /** When every negated entry of column c lies in [0, bound[c]], the
      reversed sum lies in [0, bound[0] + ... + bound[k-1]]. */
  lemma {:induction false} ReversedMatchedSumAtMostColumnBounds(m: seq<seq<real>>, chosen: seq<int>, bound: seq<int>)
    requires ReversedReadsInside(m, chosen) && |chosen| <= |bound|
    requires ColumnBounded(m, bound)
    ensures 0.0 <= ReversedMatchedSum(m, chosen) <= Sum(bound[..|chosen|]) as real
  {
    if chosen != [] {
      var k := |chosen| - 1;
      assert ReversedReadsInside(m, chosen[..k]) by {
        forall i | 0 <= i < k
          ensures 0 <= chosen[..k][i] < |m| && i < |m[chosen[..k][i]]|
        {
          assert chosen[..k][i] == chosen[i];
        }
      }
      ReversedMatchedSumAtMostColumnBounds(m, chosen[..k], bound);
      assert 0.0 <= -m[chosen[k]][k] <= bound[k] as real;
      assert bound[..k + 1] == bound[..k] + [bound[k]];
      SumConcat(bound[..k], [bound[k]]);
      assert Sum([bound[k]]) == bound[k];
    }
  }

  /** What the source's reads need: a consistent square table with at least
      one element, and a solver answer meeting the solver's contract. */
  predicate AsWrittenDefined(t: ClusterContingencyTable, solve: seq<seq<real>> -> seq<int>)
  {
    AccuracyDefined(t, solve) && t.size1 == t.size2
  }

  /** The source's sum: the negated costs read at [chosen[i]][i]. */
  method ReversedCorrectAssociations(costs: array2<real>, chosen: seq<int>) returns (sum: real)
    requires ReversedReadsInside(Entries(costs), chosen)
    ensures sum == ReversedMatchedSum(Entries(costs), chosen)
  {
    ghost var m := Entries(costs);
    sum := 0.0;
    for i := 0 to |chosen|
      invariant sum == ReversedMatchedSum(m, chosen[..i])
    {
      assert chosen[..i + 1][..i] == chosen[..i];
      sum := sum + -costs[chosen[i], i];
    }
    assert chosen[..|chosen|] == chosen;
  }

  /** The source's accuracy: the reversed sum over the number of elements. */
  function ReversedAccuracy(t: ClusterContingencyTable, solve: seq<seq<real>> -> seq<int>): (r: real)
    requires AsWrittenDefined(t, solve)
    ensures 0.0 <= r <= 1.0
  {
    ReversedAccuracyInUnitInterval(t, solve(AccuracyCosts(t)));
    ReversedMatchedSum(AccuracyCosts(t), solve(AccuracyCosts(t))) / (t.Total() as real)
  }

  /** The accuracy exactly as the source computes it, on the tables where
      it does not index outside an array. */
  method AccuracyAsWritten(table: ClusterContingencyTable, solve: seq<seq<real>> -> seq<int>)
    returns (accuracy: real)
    requires AsWrittenDefined(table, solve)
    ensures accuracy == ReversedAccuracy(table, solve)
  {
    var rowlen, collen := table.size1, table.size2;
    var costs := BuildAccuracyCosts(table);
    var chosen := solve(Entries(costs));
    SquareAssignmentReadsInside(table, chosen);
    var correctAssociations := ReversedCorrectAssociations(costs, chosen);
    TransposedTotalCell(table);
    accuracy := correctAssociations / (table.contingency[collen][rowlen] as real);
  }

  lemma SquareAssignmentReadsInside(t: ClusterContingencyTable, chosen: seq<int>)
    requires t.Shaped() && t.size1 == t.size2 && IsAssignment(chosen, t.size1, t.size1)
    ensures ReversedReadsInside(AccuracyCosts(t), chosen)
  {
  }

  /** On a square table the reversed sum is still at most all elements. */
  lemma ReversedAccuracyInUnitInterval(t: ClusterContingencyTable, chosen: seq<int>)
    requires t.Consistent() && t.size1 == t.size2 && t.Total() != 0 && IsAssignment(chosen, t.size1, t.size1)
    ensures ReversedReadsInside(AccuracyCosts(t), chosen)
    ensures 0.0 <= ReversedMatchedSum(AccuracyCosts(t), chosen) / (t.Total() as real) <= 1.0
  {
    var m := AccuracyCosts(t);
    forall r, c | 0 <= r < |m| && 0 <= c < |m[r]|
      ensures 0.0 <= -m[r][c] <= t.ColMarginals()[c] as real
    {
      OrientedEntry(NegatedCounts(t), t.size1, t.size2, r, c);
      CellWithinMarginals(t, r, c);
    }
    assert ColumnBounded(m, t.ColMarginals());
    ReversedMatchedSumAtMostColumnBounds(m, chosen, t.ColMarginals());
    assert t.ColMarginals()[..|chosen|] == t.ColMarginals();
    MarginalsNonNegative(t);
    DivInUnitInterval(ReversedMatchedSum(m, chosen), t.Total() as real);
  }
}
